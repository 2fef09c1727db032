// Which draws the label-aware shrinker tries first, told by the label names.
module LabelOrder {
  import opened Base
  import opened Shrink
  import opened LabelShrink
  import opened Sweeps

  // ----- the order of the labels -----

  predicate IsDelay(name: string) {
    name == "net-delay" || name == "extra-delay" || name == "jitter"
  }

  predicate IsDecision(name: string) {
    name == "drop-decision" || name == "duplicate-decision"
  }

  predicate IsFault(name: string) {
    name == "partition" || name == "crash-point" || name == "restart" || name == "clock-skew" || name == "nemesis"
  }

  predicate IsOther(name: string) {
    !IsDelay(name) && !IsDecision(name) && !IsFault(name)
  }

  // Delays go first, then decisions, then faults, then everything else.
  predicate Outranks(later: string, sooner: string) {
    || (IsDelay(sooner) && !IsDelay(later))
    || (IsDecision(sooner) && (IsFault(later) || IsOther(later)))
    || (IsFault(sooner) && IsOther(later))
  }

  // The draws from `from` on whose label is in the class, in tape order.
  function Those(labels: seq<string>, kind: string -> bool, from: nat): seq<nat>
    decreases |labels| - from
  {
    if from >= |labels| then []
    else if kind(labels[from]) then [from] + Those(labels, kind, from + 1)
    else Those(labels, kind, from + 1)
  }

  function NameOrder(labels: seq<string>): seq<nat> {
    Those(labels, IsDelay, 0) + Those(labels, IsDecision, 0) + Those(labels, IsFault, 0) + Those(labels, IsOther, 0)
  }

  function Singles(order: seq<nat>): seq<seq<nat>> {
    seq(|order|, k requires 0 <= k < |order| => [order[k]])
  }

  // ----- what the order is -----

  lemma {:induction false} ThoseMembers(labels: seq<string>, kind: string -> bool, from: nat)
    ensures forall i: nat :: i in Those(labels, kind, from) <==> from <= i < |labels| && kind(labels[i])
    decreases |labels| - from
  {
    if from < |labels| { ThoseMembers(labels, kind, from + 1); }
  }

  lemma {:induction false} ThoseIncrease(labels: seq<string>, kind: string -> bool, from: nat)
    ensures StrictlyIncreasing(Those(labels, kind, from))
    decreases |labels| - from
  {
    if from < |labels| {
      ThoseIncrease(labels, kind, from + 1);
      ThoseMembers(labels, kind, from + 1);
      var rest := Those(labels, kind, from + 1);
      forall a | 0 <= a < |rest| ensures from < rest[a] {
        assert rest[a] in rest;
      }
    }
  }

  // Draw i is tried before draw j.
  ghost predicate Sooner(labels: seq<string>, i: nat, j: nat)
    requires i < |labels| && j < |labels|
  {
    Outranks(labels[j], labels[i]) || (!Outranks(labels[i], labels[j]) && i < j)
  }

  ghost predicate InOrder(labels: seq<string>, order: seq<nat>) {
    && InRange(order, |labels|)
    && forall a, b :: 0 <= a < b < |order| ==> Sooner(labels, order[a], order[b])
  }

  ghost predicate Labelled(labels: seq<string>, order: seq<nat>, kind: string -> bool) {
    InOrder(labels, order) && forall i :: i in order ==> i < |labels| && kind(labels[i])
  }

  lemma OneClass(labels: seq<string>, kind: string -> bool)
    requires forall a, b :: kind(a) && kind(b) ==> !Outranks(a, b)
    ensures Labelled(labels, Those(labels, kind, 0), kind)
  {
    ThoseMembers(labels, kind, 0);
    ThoseIncrease(labels, kind, 0);
    var r := Those(labels, kind, 0);
    assert forall a :: 0 <= a < |r| ==> r[a] in r;
  }

  lemma Append(labels: seq<string>, a: seq<nat>, early: string -> bool, b: seq<nat>, late: string -> bool)
    requires Labelled(labels, a, early) && Labelled(labels, b, late)
    requires forall x, y :: early(x) && late(y) ==> Outranks(y, x)
    ensures Labelled(labels, a + b, name => early(name) || late(name))
  {
    forall x, y | 0 <= x < y < |a + b| ensures Sooner(labels, (a + b)[x], (a + b)[y]) {
      if x < |a| <= y {
        assert a[x] in a && b[y - |a|] in b;
      }
    }
  }

  predicate IsNamed(name: string) {
    !IsOther(name)
  }

  lemma NamedInOrder(labels: seq<string>)
    ensures Labelled(labels, Those(labels, IsDelay, 0) + Those(labels, IsDecision, 0) + Those(labels, IsFault, 0),
                     IsNamed)
  {
    var a, b, c := Those(labels, IsDelay, 0), Those(labels, IsDecision, 0), Those(labels, IsFault, 0);
    OneClass(labels, IsDelay);
    OneClass(labels, IsDecision);
    OneClass(labels, IsFault);
    Append(labels, b, IsDecision, c, IsFault);
    Append(labels, a, IsDelay, b + c, name => IsDecision(name) || IsFault(name));
    assert a + (b + c) == a + b + c;
  }

  lemma AllInOrder(labels: seq<string>)
    ensures InOrder(labels, NameOrder(labels))
  {
    NamedInOrder(labels);
    OneClass(labels, IsOther);
    Append(labels, Those(labels, IsDelay, 0) + Those(labels, IsDecision, 0) + Those(labels, IsFault, 0), IsNamed,
           Those(labels, IsOther, 0), IsOther);
  }

  // Every draw has its turn, and none comes before one that its label outranks.
  lemma NameOrderIs(labels: seq<string>)
    ensures InOrder(labels, NameOrder(labels)) && forall i: nat :: i in NameOrder(labels) <==> i < |labels|
  {
    AllInOrder(labels);
    ThoseMembers(labels, IsDelay, 0);
    ThoseMembers(labels, IsDecision, 0);
    ThoseMembers(labels, IsFault, 0);
    ThoseMembers(labels, IsOther, 0);
  }

  // ----- one tier -----

  function OfTier(tier: nat): string -> bool {
    name => LabelTier(name) == tier
  }

  lemma {:induction false} ThoseSkip(labels: seq<string>, kind: string -> bool, from: nat, to: nat)
    requires from <= to <= |labels| && forall i :: from <= i < to ==> !kind(labels[i])
    ensures Those(labels, kind, from) == Those(labels, kind, to)
    decreases |labels| - from
  {
    if from < to { ThoseSkip(labels, kind, from + 1, to); }
  }

  lemma {:induction false} ThoseAgree(labels: seq<string>, a: string -> bool, b: string -> bool, from: nat)
    requires forall name :: a(name) == b(name)
    ensures Those(labels, a, from) == Those(labels, b, from)
    decreases |labels| - from
  {
    if from < |labels| { ThoseAgree(labels, a, b, from + 1); }
  }

  // The kept draw at position k, or the end of the tape.
  function At(kept: seq<nat>, k: nat, n: nat): nat {
    if k < |kept| then kept[k] else n
  }

  // The draws of the class from `from` on, and those of later classes, are kept.
  ghost predicate Untouched(labels: seq<string>, kept: seq<nat>, kind: string -> bool, later: string -> bool,
                            from: nat) {
    forall i: nat :: i < |labels| && (later(labels[i]) || (kind(labels[i]) && i >= from)) ==> i in kept
  }

  function Above(tier: nat): string -> bool {
    name => LabelTier(name) > tier
  }

  // The same, for a tier and those after it.
  ghost predicate TierUntouched(labels: seq<string>, kept: seq<nat>, tier: nat, from: nat) {
    Untouched(labels, kept, OfTier(tier), Above(tier), from)
  }

  lemma KeptGap(kept: seq<nat>, k: nat, n: nat)
    requires Ascending(kept) && InRange(kept, n) && k < |kept|
    ensures forall i :: i in kept ==> (i <= kept[k] || i >= At(kept, k + 1, n)) && i >= At(kept, 0, n)
    ensures kept[k] < At(kept, k + 1, n) <= n
  {
    AscendingIs(kept);
    forall i | i in kept ensures (i <= kept[k] || i >= At(kept, k + 1, n)) && i >= At(kept, 0, n) {
      var j :| 0 <= j < |kept| && kept[j] == i;
    }
  }

  lemma NothingBetween(labels: seq<string>, kept: seq<nat>, kind: string -> bool, later: string -> bool, k: nat)
    requires Ascending(kept) && InRange(kept, |labels|) && k < |kept|
    requires Untouched(labels, kept, kind, later, kept[k])
    ensures Those(labels, kind, kept[k] + 1) == Those(labels, kind, At(kept, k + 1, |labels|))
  {
    KeptGap(kept, k, |labels|);
    ThoseSkip(labels, kind, kept[k] + 1, At(kept, k + 1, |labels|));
  }

  lemma StillUntouched(labels: seq<string>, kept: seq<nat>, kind: string -> bool, later: string -> bool, k: nat)
    requires Ascending(kept) && InRange(kept, |labels|) && k < |kept|
    requires Untouched(labels, kept, kind, later, kept[k])
    ensures Untouched(labels, kept, kind, later, At(kept, k + 1, |labels|))
    ensures !later(labels[kept[k]]) ==>
              Untouched(labels, Drop(kept, k, 1), kind, later, At(kept, k + 1, |labels|))
  {
    KeptGap(kept, k, |labels|);
    DropKeeps(kept, k);
  }

  lemma DropKeeps(kept: seq<nat>, k: nat)
    requires k < |kept|
    ensures forall i :: i in kept && i != kept[k] ==> i in Drop(kept, k, 1)
  {
    forall i | i in kept && i != kept[k] ensures i in Drop(kept, k, 1) {
      var j :| 0 <= j < |kept| && kept[j] == i;
      assert Drop(kept, k, 1)[if j < k then j else j - 1] == i;
    }
  }

  lemma NextUntouched(labels: seq<string>, kept: seq<nat>, tier: nat, from: nat)
    requires TierUntouched(labels, kept, tier, from)
    ensures TierUntouched(labels, kept, tier + 1, 0)
  {
    forall i: nat | i < |labels| && (Above(tier + 1)(labels[i]) || OfTier(tier + 1)(labels[i])) ensures i in kept {
      assert Above(tier)(labels[i]);
    }
  }

  lemma SinglesStep(i: nat, rest: seq<nat>)
    ensures Singles([i] + rest) == [[i]] + Singles(rest)
  {
  }

  lemma TierStep(fails: Fails, labels: seq<string>, tier: nat, max: nat, w: Work, k: nat)
    requires |w.kept| == |w.current| && InRange(w.kept, |labels|) && k < |w.kept| && w.attempts < max
    requires LabelTier(labels[w.kept[k]]) == tier
    ensures var (w', k') := Tried(fails, w, k, 1);
            && InRange(w'.kept, |labels|) && At(w'.kept, k', |labels|) == At(w.kept, k + 1, |labels|)
            && |w'.current| - k' < |w.current| - k
            && TierPass(fails, labels, tier, max, w, k) == TierPass(fails, labels, tier, max, w', k')
  {
    assert RemoveAt(w.current, k) == Drop(w.current, k, 1);
  }

  // The tier's draws from `from` on were swept, and left `r`.
  ghost predicate TierSwept(fails: Fails, tape: seq<nat>, labels: seq<string>, tier: nat, max: nat, w: Work, from: nat,
                            r: Work) {
    && Swept(fails, tape, max, w, Singles(Those(labels, OfTier(tier), from)), r)
    && (r.attempts < max ==> TierUntouched(labels, r.kept, tier + 1, 0))
  }

  lemma TierEnds(fails: Fails, tape: seq<nat>, labels: seq<string>, tier: nat, max: nat, w: Work, from: nat)
    requires |labels| == |tape| && Holds(tape, w) && TierUntouched(labels, w.kept, tier, from)
    requires from >= |labels| || w.attempts >= max
    ensures TierSwept(fails, tape, labels, tier, max, w, from, w)
  {
    NextUntouched(labels, w.kept, tier, from);
  }

  lemma TierTries(fails: Fails, tape: seq<nat>, labels: seq<string>, tier: nat, max: nat, w: Work, i: nat, w': Work,
                  next: nat, r: Work)
    requires InRange(w.kept, |tape|) && w.attempts < max && w'.attempts == w.attempts + 1
    requires w'.kept == Kept(fails, tape, w.kept, [i]) && TierSwept(fails, tape, labels, tier, max, w', next, r)
    requires Those(labels, OfTier(tier), i) == [i] + Those(labels, OfTier(tier), next)
    ensures TierSwept(fails, tape, labels, tier, max, w, i, r)
  {
    var rest := Those(labels, OfTier(tier), next);
    SinglesStep(i, rest);
    SweepStep(fails, tape, max, w, [i], w', Singles(rest), r);
  }

  lemma {:induction false} TierSkips(fails: Fails, tape: seq<nat>, labels: seq<string>, tier: nat, max: nat,
                                     w: Work, k: nat)
    requires |labels| == |tape| && Holds(tape, w) && InRange(w.kept, |labels|) && k < |w.kept| && w.attempts < max
    requires TierUntouched(labels, w.kept, tier, w.kept[k]) && LabelTier(labels[w.kept[k]]) != tier
    ensures TierSwept(fails, tape, labels, tier, max, w, w.kept[k], TierPass(fails, labels, tier, max, w, k))
    decreases |w.current| - k, 0
  {
    NothingBetween(labels, w.kept, OfTier(tier), Above(tier), k);
    StillUntouched(labels, w.kept, OfTier(tier), Above(tier), k);
    TierSweeps(fails, tape, labels, tier, max, w, k + 1);
  }

  lemma AfterTrial(fails: Fails, tape: seq<nat>, labels: seq<string>, tier: nat, max: nat, w: Work, k: nat)
    returns (w': Work, k': nat)
    requires |labels| == |tape| && Holds(tape, w) && InRange(w.kept, |labels|) && k < |w.kept| && w.attempts < max
    requires TierUntouched(labels, w.kept, tier, w.kept[k]) && LabelTier(labels[w.kept[k]]) == tier
    ensures Holds(tape, w') && k' <= |w'.kept| && InRange(w'.kept, |labels|) && w'.attempts == w.attempts + 1
    ensures At(w'.kept, k', |labels|) == At(w.kept, k + 1, |labels|) && |w'.current| - k' < |w.current| - k
    ensures TierUntouched(labels, w'.kept, tier, At(w'.kept, k', |labels|))
    ensures w'.kept == Kept(fails, tape, w.kept, [w.kept[k]])
    ensures TierPass(fails, labels, tier, max, w, k) == TierPass(fails, labels, tier, max, w', k')
  {
    StillUntouched(labels, w.kept, OfTier(tier), Above(tier), k);
    TierStep(fails, labels, tier, max, w, k);
    TriedIs(fails, tape, w, k, 1);
    assert w.kept[k..k + 1] == [w.kept[k]];
    var next := Tried(fails, w, k, 1);
    w', k' := next.0, next.1;
  }

  lemma ThoseStep(labels: seq<string>, tier: nat, kept: seq<nat>, k: nat)
    requires Ascending(kept) && InRange(kept, |labels|) && k < |kept|
    requires TierUntouched(labels, kept, tier, kept[k]) && LabelTier(labels[kept[k]]) == tier
    ensures Those(labels, OfTier(tier), kept[k]) == [kept[k]] + Those(labels, OfTier(tier), At(kept, k + 1, |labels|))
  {
    NothingBetween(labels, kept, OfTier(tier), Above(tier), k);
  }

  lemma {:induction false} TierTriesOne(fails: Fails, tape: seq<nat>, labels: seq<string>, tier: nat, max: nat,
                                        w: Work, k: nat)
    requires |labels| == |tape| && Holds(tape, w) && InRange(w.kept, |labels|) && k < |w.kept| && w.attempts < max
    requires TierUntouched(labels, w.kept, tier, w.kept[k]) && LabelTier(labels[w.kept[k]]) == tier
    ensures TierSwept(fails, tape, labels, tier, max, w, w.kept[k], TierPass(fails, labels, tier, max, w, k))
    decreases |w.current| - k, 0
  {
    ThoseStep(labels, tier, w.kept, k);
    var w', k' := AfterTrial(fails, tape, labels, tier, max, w, k);
    TierSweeps(fails, tape, labels, tier, max, w', k');
    TierTries(fails, tape, labels, tier, max, w, w.kept[k], w', At(w.kept, k + 1, |labels|),
              TierPass(fails, labels, tier, max, w', k'));
  }

  lemma {:induction false} TierSweeps(fails: Fails, tape: seq<nat>, labels: seq<string>, tier: nat, max: nat,
                                      w: Work, k: nat)
    requires |labels| == |tape| && Holds(tape, w) && InRange(w.kept, |labels|) && k <= |w.kept|
    requires TierUntouched(labels, w.kept, tier, At(w.kept, k, |labels|))
    ensures TierSwept(fails, tape, labels, tier, max, w, At(w.kept, k, |labels|),
                      TierPass(fails, labels, tier, max, w, k))
    decreases |w.current| - k, 1
  {
    if k < |w.current| && w.attempts < max {
      if LabelTier(labels[w.kept[k]]) != tier {
        TierSkips(fails, tape, labels, tier, max, w, k);
      } else {
        TierTriesOne(fails, tape, labels, tier, max, w, k);
      }
    } else {
      TierEnds(fails, tape, labels, tier, max, w, At(w.kept, k, |labels|));
    }
  }

  // ----- all tiers -----

  lemma {:induction false} SweepAppend(fails: Fails, tape: seq<nat>, kept: seq<nat>, a: seq<seq<nat>>,
                                       b: seq<seq<nat>>, budget: nat)
    requires InRange(kept, |tape|)
    ensures Sweep(fails, tape, kept, a + b, budget)
            == Sweep(fails, tape, Sweep(fails, tape, kept, a, budget), b, if |a| < budget then budget - |a| else 0)
    decreases |a|
  {
    if a == [] {
      assert a + b == b;
    } else if budget > 0 {
      assert (a + b)[0] == a[0] && (a + b)[1..] == a[1..] + b;
      SweepAppend(fails, tape, Kept(fails, tape, kept, a[0]), a[1..], b, budget - 1);
    }
  }

  lemma SweptAppend(fails: Fails, tape: seq<nat>, max: nat, w: Work, a: seq<nat>, w': Work, b: seq<nat>, r: Work)
    requires Swept(fails, tape, max, w, Singles(a), w') && Swept(fails, tape, max, w', Singles(b), r)
    ensures Swept(fails, tape, max, w, Singles(a + b), r)
  {
    assert Singles(a + b) == Singles(a) + Singles(b);
    SweepBoth(fails, tape, w.kept, Singles(a), w'.kept, Singles(b), Left(max, w), Left(max, w'));
  }

  lemma SweepBoth(fails: Fails, tape: seq<nat>, kept: seq<nat>, a: seq<seq<nat>>, kept': seq<nat>, b: seq<seq<nat>>,
                  budget: nat, budget': nat)
    requires InRange(kept, |tape|) && kept' == Sweep(fails, tape, kept, a, budget)
    requires budget' == budget - Min(|a|, budget)
    ensures Sweep(fails, tape, kept, a + b, budget) == Sweep(fails, tape, kept', b, budget')
  {
    SweepAppend(fails, tape, kept, a, b, budget);
  }

  lemma NextTier(fails: Fails, tape: seq<nat>, labels: seq<string>, tier: nat, max: nat, w: Work)
    requires |labels| == |tape| && Holds(tape, w) && (w.attempts < max ==> TierUntouched(labels, w.kept, tier, 0))
    ensures InRange(w.kept, |labels|)
    ensures var r := TierPass(fails, labels, tier, max, w, 0);
            && Swept(fails, tape, max, w, Singles(Those(labels, OfTier(tier), 0)), r)
            && (r.attempts < max ==> TierUntouched(labels, r.kept, tier + 1, 0))
  {
    if w.attempts < max {
      var first := At(w.kept, 0, |labels|);
      if w.kept != [] { KeptGap(w.kept, 0, |labels|); }
      ThoseSkip(labels, OfTier(tier), 0, first);
      TierSweeps(fails, tape, labels, tier, max, w, 0);
    }
  }

  function TierOrder(labels: seq<string>): seq<nat> {
    Those(labels, OfTier(0), 0) + Those(labels, OfTier(1), 0) + Those(labels, OfTier(2), 0)
    + Those(labels, OfTier(3), 0)
  }

  lemma TiersSweep(fails: Fails, tape: seq<nat>, labels: seq<string>, max: nat, w: Work)
    requires |labels| == |tape| && Holds(tape, w) && TierUntouched(labels, w.kept, 0, 0)
    ensures InRange(w.kept, |labels|)
    ensures Swept(fails, tape, max, w, Singles(TierOrder(labels)), TiersFrom(fails, labels, 0, max, w))
  {
    var a, b, c, d := Those(labels, OfTier(0), 0), Those(labels, OfTier(1), 0), Those(labels, OfTier(2), 0),
                      Those(labels, OfTier(3), 0);
    var w1 := TierPass(fails, labels, 0, max, w, 0);
    NextTier(fails, tape, labels, 0, max, w);
    var w2 := TierPass(fails, labels, 1, max, w1, 0);
    NextTier(fails, tape, labels, 1, max, w1);
    var w3 := TierPass(fails, labels, 2, max, w2, 0);
    NextTier(fails, tape, labels, 2, max, w2);
    var w4 := TierPass(fails, labels, 3, max, w3, 0);
    NextTier(fails, tape, labels, 3, max, w3);
    SweptAppend(fails, tape, max, w, a, w1, b, w2);
    SweptAppend(fails, tape, max, w, a + b, w2, c, w3);
    SweptAppend(fails, tape, max, w, a + b + c, w3, d, w4);
    FourTiers(fails, labels, max, w);
  }

  lemma FourTiers(fails: Fails, labels: seq<string>, max: nat, w: Work)
    requires |w.kept| == |w.current| && InRange(w.kept, |labels|)
    ensures var w1 := TierPass(fails, labels, 0, max, w, 0);
            var w2 := TierPass(fails, labels, 1, max, w1, 0);
            var w3 := TierPass(fails, labels, 2, max, w2, 0);
            TiersFrom(fails, labels, 0, max, w) == TierPass(fails, labels, 3, max, w3, 0)
  {
    var w1 := TierPass(fails, labels, 0, max, w, 0);
    var w2 := TierPass(fails, labels, 1, max, w1, 0);
    var w3 := TierPass(fails, labels, 2, max, w2, 0);
    var w4 := TierPass(fails, labels, 3, max, w3, 0);
    assert TiersFrom(fails, labels, 0, max, w) == TiersFrom(fails, labels, 1, max, w1);
    assert TiersFrom(fails, labels, 1, max, w1) == TiersFrom(fails, labels, 2, max, w2);
    assert TiersFrom(fails, labels, 2, max, w2) == TiersFrom(fails, labels, 3, max, w3);
    assert TiersFrom(fails, labels, 3, max, w3) == TiersFrom(fails, labels, 4, max, w4);
  }

  lemma TiersAreNames(labels: seq<string>)
    ensures TierOrder(labels) == NameOrder(labels)
  {
    ThoseAgree(labels, OfTier(0), IsDelay, 0);
    ThoseAgree(labels, OfTier(1), IsDecision, 0);
    ThoseAgree(labels, OfTier(2), IsFault, 0);
    ThoseAgree(labels, OfTier(3), IsOther, 0);
  }

  // A report of one sweep over the draws of the order.
  ghost predicate SweptInOrder(fails: Fails, tape: seq<nat>, order: seq<nat>, budget: nat, r: ShrinkReport) {
    && InRange(Range(|tape|), |tape|) && r.keptIndices == Sweep(fails, tape, Range(|tape|), Singles(order), budget)
    && InRange(r.keptIndices, |tape|) && r.minimized == ReadAt(tape, r.keptIndices)
    && r.attempts == 1 + Min(|order|, budget)
  }

  lemma StartUntouched(tape: seq<nat>, labels: seq<string>)
    requires |labels| == |tape|
    ensures Holds(tape, Start(tape)) && TierUntouched(labels, Start(tape).kept, 0, 0)
  {
    HoldsReads(tape, Start(tape));
    forall i: nat | i < |tape| ensures i in Start(tape).kept {
      assert Start(tape).kept[i] == i;
    }
  }

  lemma ReportSwept(fails: Fails, tape: seq<nat>, order: seq<nat>, cfg: ShrinkConfig, r: Work)
    requires Swept(fails, tape, cfg.maxAttempts, Start(tape), Singles(order), r)
    ensures SweptInOrder(fails, tape, order, Budget(cfg), Report(tape, r))
  {
  }

  // The label-aware shrinker is one sweep over the draws in the order of their
  // names, each draw one attempt.
  lemma TieredIsSweep(fails: Fails, tape: seq<nat>, labels: seq<string>, cfg: ShrinkConfig)
    requires |labels| == |tape| && fails(tape)
    ensures SweptInOrder(fails, tape, NameOrder(labels), Budget(cfg), TieredSpec(fails, tape, labels, cfg))
  {
    StartUntouched(tape, labels);
    TiersSweep(fails, tape, labels, cfg.maxAttempts, Start(tape));
    TiersAreNames(labels);
    ReportSwept(fails, tape, NameOrder(labels), cfg, TiersFrom(fails, labels, 0, cfg.maxAttempts, Start(tape)));
  }

  // ----- the draw that is left -----

  function Any(tape: seq<nat>): bool {
    tape != []
  }

  lemma {:induction false} LastStands(tape: seq<nat>, kept: seq<nat>, order: seq<nat>, budget: nat)
    requires InRange(kept, |tape|) && Ascending(kept) && Distinct(order) && 0 < |order| <= budget
    requires forall i :: i in kept <==> i in order
    ensures Sweep(Any, tape, kept, Singles(order), budget) == [order[|order| - 1]]
    decreases |order|
  {
    FirstFalls(tape, kept, order);
    assert Singles(order)[1..] == Singles(order[1..]);
    if |order| == 1 {
      assert Singles(order[1..]) == [];
    } else {
      LastStands(tape, Less(kept, [order[0]]), order[1..], budget - 1);
    }
  }

  lemma FirstFalls(tape: seq<nat>, kept: seq<nat>, order: seq<nat>)
    requires InRange(kept, |tape|) && Ascending(kept) && Distinct(order) && |order| > 0
    requires forall i :: i in kept <==> i in order
    ensures InRange(Less(kept, [order[0]]), |tape|) && Ascending(Less(kept, [order[0]]))
    ensures forall i :: i in Less(kept, [order[0]]) <==> i in order[1..]
    ensures |order| == 1 ==> kept == [order[0]] && Kept(Any, tape, kept, [order[0]]) == kept
    ensures |order| > 1 ==> Kept(Any, tape, kept, [order[0]]) == Less(kept, [order[0]])
  {
    LessInRange(kept, [order[0]], |tape|);
    LessKeeps(kept, order[0]);
    LessAscends(kept, [order[0]]);
    if |order| == 1 {
      OneKept(kept, order[0]);
    } else {
      assert order[1] in Less(kept, [order[0]]);
    }
  }

  lemma {:induction false} LessKeeps(kept: seq<nat>, i: nat)
    ensures forall j :: j in Less(kept, [i]) <==> j in kept && j != i
  {
    if kept != [] { LessKeeps(kept[1..], i); }
  }

  lemma OneKept(kept: seq<nat>, i: nat)
    requires Ascending(kept) && i in kept && forall j :: j in kept ==> j == i
    ensures kept == [i] && Less(kept, [i]) == []
  {
    forall a | 0 <= a < |kept| ensures kept[a] == i {
      assert kept[a] in kept;
    }
    LessAll(kept, [i]);
  }

  lemma OrderCovers(labels: seq<string>)
    ensures var order := NameOrder(labels);
            && |order| == |labels| && Distinct(order) && forall i :: i in Range(|labels|) <==> i in order
  {
    var order := NameOrder(labels);
    NameOrderIs(labels);
    forall a, b | 0 <= a < b < |order| ensures order[a] != order[b] {
      assert Sooner(labels, order[a], order[b]);
    }
    forall a | 0 <= a < |order| ensures order[a] < |labels| {
      assert order[a] in order;
    }
    DistinctBounded(order, |labels|);
    forall i | i in Range(|labels|) ensures i in order {
      assert 0 <= i < |labels|;
    }
    forall i | i in order ensures i in Range(|labels|) {
      assert Range(|labels|)[i] == i;
    }
    FitsInside(Range(|labels|), order);
  }

  // When any one draw makes the tape fail, the draw left is the last of those
  // whose label no other label outranks.
  lemma LoneDrawKept(tape: seq<nat>, labels: seq<string>, cfg: ShrinkConfig)
    requires |labels| == |tape| > 0 && cfg.maxAttempts > |tape|
    ensures var r := TieredSpec(Any, tape, labels, cfg);
            && |r.keptIndices| == 1 && r.keptIndices[0] < |tape|
            && r.minimized == [tape[r.keptIndices[0]]]
            && forall j :: 0 <= j < |tape| && j != r.keptIndices[0] ==> Sooner(labels, j, r.keptIndices[0])
  {
    var order := NameOrder(labels);
    TieredIsSweep(Any, tape, labels, cfg);
    OrderCovers(labels);
    AscendingIs(Range(|tape|));
    LastStands(tape, Range(|tape|), order, Budget(cfg));
    var last := order[|order| - 1];
    NameOrderIs(labels);
    forall j | 0 <= j < |tape| && j != last ensures Sooner(labels, j, last) {
      assert j in order;
      var a :| 0 <= a < |order| && order[a] == j;
    }
  }
}
