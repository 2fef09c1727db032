// What the shrinkers try, and in which order: every pass is one greedy sweep
// over blocks of draws, each block tried once against what is left so far.
module Sweeps {
  import opened Base
  import opened Shrink
  import opened LabelShrink

  // ----- a greedy sweep -----

  function ReadAt(tape: seq<nat>, kept: seq<nat>): seq<nat>
    requires InRange(kept, |tape|)
  {
    seq(|kept|, k requires 0 <= k < |kept| => tape[kept[k]])
  }

  function Less(kept: seq<nat>, block: seq<nat>): seq<nat> {
    if kept == [] then []
    else if kept[0] in block then Less(kept[1..], block)
    else [kept[0]] + Less(kept[1..], block)
  }

  // A block goes for good when the tape still fails without it.
  ghost function Sweep(fails: Fails, tape: seq<nat>, kept: seq<nat>, blocks: seq<seq<nat>>, budget: nat): (r: seq<nat>)
    requires InRange(kept, |tape|)
    ensures InRange(r, |tape|)
    decreases |blocks|
  {
    if blocks == [] || budget == 0 then kept
    else Sweep(fails, tape, Kept(fails, tape, kept, blocks[0]), blocks[1..], budget - 1)
  }

  ghost function Kept(fails: Fails, tape: seq<nat>, kept: seq<nat>, block: seq<nat>): (r: seq<nat>)
    requires InRange(kept, |tape|)
    ensures InRange(r, |tape|)
  {
    LessInRange(kept, block, |tape|);
    if fails(ReadAt(tape, Less(kept, block))) then Less(kept, block) else kept
  }

  lemma {:induction false} LessInRange(kept: seq<nat>, block: seq<nat>, n: nat)
    requires InRange(kept, n)
    ensures InRange(Less(kept, block), n)
  {
    if kept != [] { LessInRange(kept[1..], block, n); }
  }

  // The complete blocks of `len` draws, from the front.
  function Blocks(kept: seq<nat>, len: nat): (r: seq<seq<nat>>)
    requires len > 0
    ensures |r| <= |kept|
  {
    if |kept| < len then [] else [kept[..len]] + Blocks(kept[len..], len)
  }

  // What the first attempt, on the tape itself, leaves of the budget.
  function Budget(cfg: ShrinkConfig): nat {
    if cfg.maxAttempts > 1 then cfg.maxAttempts - 1 else 0
  }

  function Left(max: nat, w: Work): nat {
    if w.attempts < max then max - w.attempts else 0
  }

  // ----- taking out a run of kept draws -----

  // Each index below the next one.
  ghost predicate Ascending(s: seq<nat>) {
    |s| < 2 || (s[0] < s[1] && Ascending(s[1..]))
  }

  lemma {:induction false} AscendingIs(s: seq<nat>)
    ensures Ascending(s) <==> StrictlyIncreasing(s)
  {
    if |s| >= 2 {
      AscendingIs(s[1..]);
      var rest := s[1..];
      if Ascending(s) {
        forall a, b | 0 <= a < b < |s| ensures s[a] < s[b] {
          assert s[b] == rest[b - 1];
          if a == 0 {
            assert rest[0] <= rest[b - 1];
          } else {
            assert s[a] == rest[a - 1];
          }
        }
      }
      if StrictlyIncreasing(s) {
        assert forall a, b :: 0 <= a < b < |rest| ==> rest[a] == s[a + 1] && rest[b] == s[b + 1];
      }
    }
  }

  lemma {:induction false} LessAppend(a: seq<nat>, b: seq<nat>, block: seq<nat>)
    ensures Less(a + b, block) == Less(a, block) + Less(b, block)
  {
    if a == [] {
      assert a + b == b;
    } else {
      LessAppend(a[1..], b, block);
      assert (a + b)[0] == a[0] && (a + b)[1..] == a[1..] + b;
      MoveAcross([a[0]], Less(a[1..], block), Less(b, block));
    }
  }

  lemma {:induction false} LessNone(a: seq<nat>, block: seq<nat>)
    requires forall i :: i in a ==> i !in block
    ensures Less(a, block) == a
  {
    if a != [] { LessNone(a[1..], block); }
  }

  lemma {:induction false} LessAll(a: seq<nat>, block: seq<nat>)
    requires forall i :: i in a ==> i in block
    ensures Less(a, block) == []
  {
    if a != [] { LessAll(a[1..], block); }
  }

  ghost predicate Apart(block: seq<nat>, others: seq<nat>) {
    forall i :: i in others ==> i !in block
  }

  lemma OutsideRun(kept: seq<nat>, k: nat, len: nat)
    requires Ascending(kept) && k + len <= |kept|
    ensures Apart(kept[k..k + len], kept[..k]) && Apart(kept[k..k + len], kept[k + len..])
  {
    AscendingIs(kept);
    var block := kept[k..k + len];
    forall i | i in kept[..k] || i in kept[k + len..] ensures i !in block {
      var a :| 0 <= a < |kept| && kept[a] == i && (a < k || a >= k + len);
      forall b | 0 <= b < len ensures block[b] != i {
        assert block[b] == kept[k + b];
      }
    }
  }

  lemma LessFront(block: seq<nat>, c: seq<nat>)
    requires Apart(block, c)
    ensures Less(block + c, block) == c
  {
    LessAppend(block, c, block);
    LessAll(block, block);
    LessNone(c, block);
  }

  lemma LessMiddle(a: seq<nat>, rest: seq<nat>, block: seq<nat>, c: seq<nat>)
    requires Less(rest, block) == c && Apart(block, a)
    ensures Less(a + rest, block) == a + c
  {
    LessAppend(a, rest, block);
    LessNone(a, block);
  }

  lemma LessRun(kept: seq<nat>, a: seq<nat>, block: seq<nat>, c: seq<nat>)
    requires kept == a + (block + c) && Apart(block, a) && Apart(block, c)
    ensures Less(kept, block) == a + c
  {
    LessFront(block, c);
    LessMiddle(a, block + c, block, c);
  }

  lemma Pieces(kept: seq<nat>, k: nat, len: nat)
    requires k + len <= |kept|
    ensures kept == kept[..k] + (kept[k..k + len] + kept[k + len..])
  {
  }

  lemma LessIsDrop(kept: seq<nat>, k: nat, len: nat)
    requires Ascending(kept) && k + len <= |kept|
    ensures Less(kept, kept[k..k + len]) == Drop(kept, k, len)
  {
    Pieces(kept, k, len);
    OutsideRun(kept, k, len);
    LessRun(kept, kept[..k], kept[k..k + len], kept[k + len..]);
  }

  // `current` is the tape read at the ascending indices `kept`.
  ghost predicate Holds(tape: seq<nat>, w: Work) {
    InRange(w.kept, |tape|) && Ascending(w.kept) && w.current == ReadAt(tape, w.kept)
  }

  lemma HoldsReads(tape: seq<nat>, w: Work)
    ensures Holds(tape, w) <==> Reads(tape, w)
  {
    AscendingIs(w.kept);
    if Reads(tape, w) {
      assert w.current == ReadAt(tape, w.kept);
    }
  }

  lemma DropHolds(tape: seq<nat>, w: Work, k: nat, len: nat)
    requires Holds(tape, w) && k + len <= |w.current|
    ensures Holds(tape, Without(w, k, len))
  {
    HoldsReads(tape, w);
    DropReads(tape, w, k, len);
    HoldsReads(tape, Without(w, k, len));
  }

  // One trial of a pass, on a run of kept draws.
  lemma TrialIs(fails: Fails, tape: seq<nat>, w: Work, k: nat, len: nat)
    requires Holds(tape, w) && k + len <= |w.current|
    ensures Kept(fails, tape, w.kept, w.kept[k..k + len])
            == if fails(Drop(w.current, k, len)) then Drop(w.kept, k, len) else w.kept
    ensures Holds(tape, Without(w, k, len)) && Holds(tape, Rejected(w))
  {
    LessIsDrop(w.kept, k, len);
    DropHolds(tape, w, k, len);
  }

  // The next state of a pass that tries the draws at k..k+len, and its next position.
  function Tried(fails: Fails, w: Work, k: nat, len: nat): (Work, nat)
    requires |w.kept| == |w.current| && k + len <= |w.current|
  {
    if fails(Drop(w.current, k, len)) then (Without(w, k, len), k) else (Rejected(w), k + len)
  }

  lemma TriedIs(fails: Fails, tape: seq<nat>, w: Work, k: nat, len: nat)
    requires Holds(tape, w) && k + len <= |w.current|
    ensures var (w', k') := Tried(fails, w, k, len);
            && Holds(tape, w') && w'.attempts == w.attempts + 1 && k' <= |w'.kept|
            && w'.kept == Kept(fails, tape, w.kept, w.kept[k..k + len]) && w'.kept[k'..] == w.kept[k + len..]
            && |w'.kept| <= |w.kept|
  {
    TrialIs(fails, tape, w, k, len);
    assert Drop(w.kept, k, len)[k..] == w.kept[k + len..];
  }

  // ----- the passes are sweeps -----

  // From `w` the blocks were swept and left `r`.
  ghost predicate Swept(fails: Fails, tape: seq<nat>, max: nat, w: Work, blocks: seq<seq<nat>>, r: Work) {
    && InRange(w.kept, |tape|) && Holds(tape, r)
    && r.kept == Sweep(fails, tape, w.kept, blocks, Left(max, w))
    && r.attempts == w.attempts + Min(|blocks|, Left(max, w))
  }

  // One more block in front.
  lemma SweepStep(fails: Fails, tape: seq<nat>, max: nat, w: Work, block: seq<nat>, w': Work, rest: seq<seq<nat>>,
                  r: Work)
    requires InRange(w.kept, |tape|) && w.attempts < max && w'.attempts == w.attempts + 1
    requires w'.kept == Kept(fails, tape, w.kept, block) && Swept(fails, tape, max, w', rest, r)
    ensures Swept(fails, tape, max, w, [block] + rest, r)
  {
    assert ([block] + rest)[1..] == rest;
  }

  lemma BlocksStep(kept: seq<nat>, k: nat, len: nat)
    requires len > 0 && k + len <= |kept|
    ensures Blocks(kept[k..], len) == [kept[k..k + len]] + Blocks(kept[k + len..], len)
  {
    assert kept[k..][..len] == kept[k..k + len] && kept[k..][len..] == kept[k + len..];
  }

  lemma {:induction false} RoundSweeps(fails: Fails, tape: seq<nat>, max: nat, len: nat, w: Work, k: nat, any: bool)
    requires Holds(tape, w) && len > 0 && k <= |w.kept|
    ensures var (r, any') := ChunkRound(fails, max, len, w, k, any);
            && Swept(fails, tape, max, w, Blocks(w.kept[k..], len), r)
            && |r.kept| <= |w.kept| && any' == (any || |r.kept| < |w.kept|)
    decreases max - w.attempts
  {
    if k + len <= |w.current| && w.attempts < max {
      TriedIs(fails, tape, w, k, len);
      BlocksStep(w.kept, k, len);
      var (r, _) := ChunkRound(fails, max, len, w, k, any);
      var (w', k') := Tried(fails, w, k, len);
      RoundSweeps(fails, tape, max, len, w', k', any || k' == k);
      SweepStep(fails, tape, max, w, w.kept[k..k + len], w', Blocks(w.kept[k + len..], len), r);
    }
  }

  lemma PassStep(fails: Fails, max: nat, w: Work, k: nat)
    requires |w.kept| == |w.current| && k < |w.current| && w.attempts < max
    ensures var (w', k') := Tried(fails, w, k, 1);
            SinglePass(fails, max, w, k) == SinglePass(fails, max, w', k')
  {
    assert RemoveAt(w.current, k) == Drop(w.current, k, 1);
  }

  lemma {:induction false} PassSweeps(fails: Fails, tape: seq<nat>, max: nat, w: Work, k: nat)
    requires Holds(tape, w) && k <= |w.kept|
    ensures Swept(fails, tape, max, w, Blocks(w.kept[k..], 1), SinglePass(fails, max, w, k))
    decreases |w.current| - k
  {
    if k < |w.current| && w.attempts < max {
      TriedIs(fails, tape, w, k, 1);
      BlocksStep(w.kept, k, 1);
      PassStep(fails, max, w, k);
      var (w', k') := Tried(fails, w, k, 1);
      PassSweeps(fails, tape, max, w', k');
      SweepStep(fails, tape, max, w, w.kept[k..k + 1], w', Blocks(w.kept[k + 1..], 1), SinglePass(fails, max, w', k'));
    }
  }

  // ----- the whole shrinker as sweeps -----

  // Sweeps over blocks of `len` draws, then of half as many, and so on; a length
  // is swept again for as long as something went. What is left, and of the budget.
  ghost function Descend(fails: Fails, tape: seq<nat>, min: nat, len: nat, kept: seq<nat>, budget: nat)
    : (r: (seq<nat>, nat))
    requires InRange(kept, |tape|)
    ensures InRange(r.0, |tape|) && r.1 <= budget
    decreases budget, len
  {
    if len < min || budget == 0 then (kept, budget)
    else if len == 0 then (kept, 0)
    else
      var spent := Min(|Blocks(kept, len)|, budget);
      var kept' := Sweep(fails, tape, kept, Blocks(kept, len), budget);
      Descend(fails, tape, min, if |kept'| < |kept| then len else len / 2, kept', budget - spent)
  }

  // Chunks of no draws change nothing and use up the budget.
  lemma {:induction false} EmptyChunks(fails: Fails, max: nat, w: Work, k: nat, any: bool)
    requires |w.kept| == |w.current| && k <= |w.current| && fails(w.current) && w.attempts <= max
    ensures var (r, _) := ChunkRound(fails, max, 0, w, k, any);
            r.kept == w.kept && r.current == w.current && r.attempts == max
    decreases max - w.attempts
  {
    if w.attempts < max {
      assert Drop(w.current, k, 0) == w.current && Drop(w.kept, k, 0) == w.kept;
      EmptyChunks(fails, max, Without(w, k, 0), k, true);
    }
  }

  lemma RoundFacts(fails: Fails, tape: seq<nat>, max: nat, len: nat, w: Work)
    requires Sound(fails, tape, max, w) && len > 0
    ensures InRange(w.kept, |tape|)
    ensures var (r, any) := ChunkRound(fails, max, len, w, 0, false);
            && Sound(fails, tape, max, r) && r.kept == Sweep(fails, tape, w.kept, Blocks(w.kept, len), Left(max, w))
            && Left(max, r) == Left(max, w) - Min(|Blocks(w.kept, len)|, Left(max, w))
            && any == (|r.kept| < |w.kept|)
  {
    assert w.kept[0..] == w.kept;
    HoldsReads(tape, w);
    RoundSweeps(fails, tape, max, len, w, 0, false);
    RoundSound(fails, tape, max, len, w, 0, false);
  }

  ghost predicate DescendsTo(fails: Fails, tape: seq<nat>, min: nat, len: nat, kept: seq<nat>, budget: nat,
                             kept': seq<nat>, budget': nat) {
    InRange(kept, |tape|) && Descend(fails, tape, min, len, kept, budget) == (kept', budget')
  }

  lemma DescendOnce(fails: Fails, tape: seq<nat>, min: nat, len: nat, kept: seq<nat>, budget: nat)
    requires InRange(kept, |tape|) && len >= min && len > 0 && budget > 0
    ensures var kept' := Sweep(fails, tape, kept, Blocks(kept, len), budget);
            Descend(fails, tape, min, len, kept, budget)
            == Descend(fails, tape, min, if |kept'| < |kept| then len else len / 2, kept',
                       budget - Min(|Blocks(kept, len)|, budget))
  {
  }

  lemma LoopStep(fails: Fails, cfg: ShrinkConfig, len: nat, w: Work)
    requires |w.kept| == |w.current| && len >= cfg.minChunkLen && len > 0 && w.attempts < cfg.maxAttempts
    ensures var (w', any) := ChunkRound(fails, cfg.maxAttempts, len, w, 0, false);
            ChunkLoop(fails, cfg, len, w) == ChunkLoop(fails, cfg, if any then len else len / 2, w')
  {
  }

  lemma DescendsBy(fails: Fails, tape: seq<nat>, min: nat, len: nat, kept: seq<nat>, budget: nat, kept': seq<nat>,
                   left: nat, end: seq<nat>, endBudget: nat)
    requires InRange(kept, |tape|) && len >= min && len > 0 && budget > 0
    requires kept' == Sweep(fails, tape, kept, Blocks(kept, len), budget)
    requires left == budget - Min(|Blocks(kept, len)|, budget)
    requires DescendsTo(fails, tape, min, if |kept'| < |kept| then len else len / 2, kept', left, end, endBudget)
    ensures DescendsTo(fails, tape, min, len, kept, budget, end, endBudget)
  {
    DescendOnce(fails, tape, min, len, kept, budget);
  }

  lemma {:induction false} LoopOnce(fails: Fails, tape: seq<nat>, cfg: ShrinkConfig, len: nat, w: Work)
    requires Sound(fails, tape, cfg.maxAttempts, w)
    requires len >= cfg.minChunkLen && len > 0 && w.attempts < cfg.maxAttempts
    ensures DescendsTo(fails, tape, cfg.minChunkLen, len, w.kept, Left(cfg.maxAttempts, w),
                       ChunkLoop(fails, cfg, len, w).kept, Left(cfg.maxAttempts, ChunkLoop(fails, cfg, len, w)))
    decreases cfg.maxAttempts - w.attempts, len, 0
  {
    var (w', any) := ChunkRound(fails, cfg.maxAttempts, len, w, 0, false);
    LoopStep(fails, cfg, len, w);
    RoundFacts(fails, tape, cfg.maxAttempts, len, w);
    LoopDescends(fails, tape, cfg, if any then len else len / 2, w');
    var r := ChunkLoop(fails, cfg, if any then len else len / 2, w');
    DescendsBy(fails, tape, cfg.minChunkLen, len, w.kept, Left(cfg.maxAttempts, w), w'.kept,
               Left(cfg.maxAttempts, w'), r.kept, Left(cfg.maxAttempts, r));
  }

  lemma {:induction false} LoopDescends(fails: Fails, tape: seq<nat>, cfg: ShrinkConfig, len: nat, w: Work)
    requires Sound(fails, tape, cfg.maxAttempts, w)
    ensures var r := ChunkLoop(fails, cfg, len, w);
            DescendsTo(fails, tape, cfg.minChunkLen, len, w.kept, Left(cfg.maxAttempts, w),
                       r.kept, Left(cfg.maxAttempts, r))
    decreases cfg.maxAttempts - w.attempts, len, 1
  {
    if len >= cfg.minChunkLen && w.attempts < cfg.maxAttempts {
      if len == 0 {
        EmptyChunks(fails, cfg.maxAttempts, w, 0, false);
      } else {
        LoopOnce(fails, tape, cfg, len, w);
      }
    }
  }

  lemma {:induction false} SingleBlocks(kept: seq<nat>)
    ensures |Blocks(kept, 1)| == |kept|
  {
    if kept != [] { SingleBlocks(kept[1..]); }
  }

  // The report of a sweep over the single draws of `kept`.
  ghost predicate SweptSingly(fails: Fails, tape: seq<nat>, cfg: ShrinkConfig, kept: seq<nat>, budget: nat,
                              r: ShrinkReport) {
    && InRange(kept, |tape|) && r.keptIndices == Sweep(fails, tape, kept, Blocks(kept, 1), budget)
    && InRange(r.keptIndices, |tape|) && r.minimized == ReadAt(tape, r.keptIndices)
    && r.attempts == Max(1, cfg.maxAttempts) - Max(0, budget - |kept|)
  }

  lemma PassFacts(fails: Fails, tape: seq<nat>, cfg: ShrinkConfig, w: Work)
    requires Sound(fails, tape, cfg.maxAttempts, w)
    ensures SweptSingly(fails, tape, cfg, w.kept, Left(cfg.maxAttempts, w),
                        Report(tape, SinglePass(fails, cfg.maxAttempts, w, 0)))
  {
    assert w.kept[0..] == w.kept;
    HoldsReads(tape, w);
    PassSweeps(fails, tape, cfg.maxAttempts, w, 0);
    SingleBlocks(w.kept);
  }

  // The shrinker descends from blocks of half the tape and then sweeps single
  // draws, each block one attempt.
  lemma ShrinkIsSweeps(fails: Fails, tape: seq<nat>, cfg: ShrinkConfig)
    requires fails(tape)
    ensures var (kept, budget) := Descend(fails, tape, cfg.minChunkLen, |tape| / 2, Range(|tape|), Budget(cfg));
            SweptSingly(fails, tape, cfg, kept, budget, ShrinkSpec(fails, tape, cfg))
  {
    var w := Start(tape);
    LoopSound(fails, tape, cfg, |tape| / 2, w);
    LoopDescends(fails, tape, cfg, |tape| / 2, w);
    assert Left(cfg.maxAttempts, w) == Budget(cfg);
    PassFacts(fails, tape, cfg, ChunkLoop(fails, cfg, |tape| / 2, w));
  }

  // ----- what a sweep leaves -----

  ghost predicate Within(few: seq<nat>, many: seq<nat>) {
    forall i :: i in few ==> i in many
  }

  ghost predicate Meets(kept: seq<nat>, block: seq<nat>) {
    exists i :: i in kept && i in block
  }

  lemma {:induction false} LessMembers(kept: seq<nat>, block: seq<nat>)
    ensures Within(Less(kept, block), kept) && |Less(kept, block)| <= |kept|
    ensures Meets(kept, block) ==> |Less(kept, block)| < |kept|
  {
    if kept != [] { LessMembers(kept[1..], block); }
  }

  lemma {:induction false} LessAbove(kept: seq<nat>, block: seq<nat>, i: nat)
    requires Ascending([i] + kept)
    ensures Ascending([i] + Less(kept, block))
  {
    if kept != [] {
      assert ([i] + kept)[1..] == kept == [kept[0]] + kept[1..];
      LessAbove(kept[1..], block, kept[0]);
      if kept[0] in block {
        SkipOne(i, kept[0], Less(kept[1..], block));
      } else {
        assert ([i] + Less(kept, block))[1..] == Less(kept, block);
      }
    }
  }

  lemma SkipOne(i: nat, j: nat, rest: seq<nat>)
    requires i < j && Ascending([j] + rest)
    ensures Ascending([i] + rest)
  {
    assert ([j] + rest)[1..] == rest == ([i] + rest)[1..];
  }

  lemma {:induction false} LessAscends(kept: seq<nat>, block: seq<nat>)
    requires Ascending(kept)
    ensures Ascending(Less(kept, block))
  {
    if kept != [] {
      assert kept == [kept[0]] + kept[1..];
      if kept[0] in block {
        LessAscends(kept[1..], block);
      } else {
        LessAbove(kept[1..], block, kept[0]);
      }
    }
  }

  lemma {:induction false} SweepLeaves(fails: Fails, tape: seq<nat>, kept: seq<nat>, blocks: seq<seq<nat>>, budget: nat)
    requires InRange(kept, |tape|)
    ensures var r := Sweep(fails, tape, kept, blocks, budget);
            && Within(r, kept) && |r| <= |kept| && (fails(ReadAt(tape, kept)) ==> fails(ReadAt(tape, r)))
            && (Ascending(kept) ==> Ascending(r))
    decreases |blocks|
  {
    if blocks != [] && budget > 0 {
      LessMembers(kept, blocks[0]);
      if Ascending(kept) { LessAscends(kept, blocks[0]); }
      SweepLeaves(fails, tape, Kept(fails, tape, kept, blocks[0]), blocks[1..], budget - 1);
    }
  }

  ghost predicate Refused(fails: Fails, tape: seq<nat>, kept: seq<nat>, block: seq<nat>)
    requires InRange(kept, |tape|)
  {
    LessInRange(kept, block, |tape|);
    !fails(ReadAt(tape, Less(kept, block)))
  }

  // A sweep that takes nothing out, with budget for every block, refused each.
  lemma {:induction false} QuietSweep(fails: Fails, tape: seq<nat>, kept: seq<nat>, blocks: seq<seq<nat>>, budget: nat)
    requires InRange(kept, |tape|) && |blocks| <= budget
    requires forall b :: b in blocks ==> Meets(kept, b)
    requires |Sweep(fails, tape, kept, blocks, budget)| >= |kept|
    ensures Sweep(fails, tape, kept, blocks, budget) == kept
    ensures forall b :: b in blocks ==> Refused(fails, tape, kept, b)
    decreases |blocks|
  {
    if blocks != [] {
      assert blocks[0] in blocks;
      LessMembers(kept, blocks[0]);
      SweepLeaves(fails, tape, Kept(fails, tape, kept, blocks[0]), blocks[1..], budget - 1);
      QuietSweep(fails, tape, kept, blocks[1..], budget - 1);
    }
  }

  predicate Multiple(k: nat, len: nat)
    requires len > 0
  {
    k == 0 || (k >= len && Multiple(k - len, len))
  }

  lemma {:induction false} BlockAt(kept: seq<nat>, len: nat, k: nat)
    requires len > 0 && Multiple(k, len) && k + len <= |kept|
    ensures kept[k..k + len] in Blocks(kept, len)
    decreases k
  {
    if k == 0 {
      assert kept[0..len] == kept[..len];
    } else {
      BlockAt(kept[len..], len, k - len);
      assert kept[len..][k - len..k - len + len] == kept[k..k + len];
    }
  }

  lemma {:induction false} BlocksInside(kept: seq<nat>, len: nat)
    requires len > 0
    ensures forall b :: b in Blocks(kept, len) ==> Meets(kept, b)
  {
    if |kept| >= len {
      BlocksInside(kept[len..], len);
      assert kept[..len][0] in kept;
      assert Meets(kept, kept[..len]);
      forall b | Meets(kept[len..], b) ensures Meets(kept, b) {
        var i :| i in kept[len..] && i in b;
        assert i in kept;
      }
    }
  }

  // ----- the ladder of chunk lengths -----

  // No aligned chunk of `len` of the draws left can go.
  ghost predicate NoChunk(fails: Fails, tape: seq<nat>, kept: seq<nat>, len: nat)
    requires InRange(kept, |tape|)
  {
    len > 0 && forall k: nat :: Multiple(k, len) && k + len <= |kept| ==> !fails(ReadAt(tape, Drop(kept, k, len)))
  }

  // From `len` down to the minimum, halving: at each length some of the draws
  // were left, the tape read at them fails, and no aligned chunk of them can go.
  ghost predicate Ladder(fails: Fails, tape: seq<nat>, min: nat, len: nat, from: seq<nat>, rungs: seq<seq<nat>>,
                         end: seq<nat>)
    decreases |rungs|
  {
    if rungs == [] then len < min && Within(end, from)
    else
      && len >= min && Within(rungs[0], from) && InRange(rungs[0], |tape|)
      && fails(ReadAt(tape, rungs[0])) && NoChunk(fails, tape, rungs[0], len)
      && Ladder(fails, tape, min, len / 2, rungs[0], rungs[1..], end)
  }

  lemma QuietMeansNoChunk(fails: Fails, tape: seq<nat>, kept: seq<nat>, len: nat, budget: nat)
    requires InRange(kept, |tape|) && Ascending(kept) && len > 0 && |Blocks(kept, len)| <= budget
    requires |Sweep(fails, tape, kept, Blocks(kept, len), budget)| >= |kept|
    ensures NoChunk(fails, tape, kept, len) && Sweep(fails, tape, kept, Blocks(kept, len), budget) == kept
  {
    BlocksInside(kept, len);
    QuietSweep(fails, tape, kept, Blocks(kept, len), budget);
    forall k: nat | Multiple(k, len) && k + len <= |kept| ensures !fails(ReadAt(tape, Drop(kept, k, len))) {
      BlockAt(kept, len, k);
      LessIsDrop(kept, k, len);
      assert Refused(fails, tape, kept, kept[k..k + len]);
    }
  }

  lemma {:induction false} LadderFrom(fails: Fails, tape: seq<nat>, min: nat, len: nat, few: seq<nat>, many: seq<nat>,
                                      rungs: seq<seq<nat>>, end: seq<nat>)
    requires Within(few, many) && Ladder(fails, tape, min, len, few, rungs, end)
    ensures Ladder(fails, tape, min, len, many, rungs, end)
  {
  }

  lemma LadderStep(fails: Fails, tape: seq<nat>, min: nat, len: nat, kept: seq<nat>, rungs: seq<seq<nat>>,
                   end: seq<nat>)
    requires len >= min && InRange(kept, |tape|) && fails(ReadAt(tape, kept)) && NoChunk(fails, tape, kept, len)
    requires Ladder(fails, tape, min, len / 2, kept, rungs, end)
    ensures Ladder(fails, tape, min, len, kept, [kept] + rungs, end)
  {
    assert ([kept] + rungs)[0] == kept && ([kept] + rungs)[1..] == rungs;
  }

  lemma {:induction false} DescendClimbs(fails: Fails, tape: seq<nat>, min: nat, len: nat, kept: seq<nat>, budget: nat)
    returns (rungs: seq<seq<nat>>)
    requires InRange(kept, |tape|) && Ascending(kept) && fails(ReadAt(tape, kept))
    requires Descend(fails, tape, min, len, kept, budget).1 > 0
    ensures Ladder(fails, tape, min, len, kept, rungs, Descend(fails, tape, min, len, kept, budget).0)
    decreases budget, len
  {
    if len < min {
      rungs := [];
    } else {
      DescendOnce(fails, tape, min, len, kept, budget);
      var kept' := Sweep(fails, tape, kept, Blocks(kept, len), budget);
      SweepLeaves(fails, tape, kept, Blocks(kept, len), budget);
      var left := budget - Min(|Blocks(kept, len)|, budget);
      if |kept'| < |kept| {
        rungs := DescendClimbs(fails, tape, min, len, kept', left);
        LadderFrom(fails, tape, min, len, kept', kept, rungs, Descend(fails, tape, min, len, kept', left).0);
      } else {
        QuietMeansNoChunk(fails, tape, kept, len, budget);
        var lower := DescendClimbs(fails, tape, min, len / 2, kept, left);
        LadderStep(fails, tape, min, len, kept, lower, Descend(fails, tape, min, len / 2, kept, left).0);
        rungs := [kept] + lower;
      }
    }
  }

  lemma {:induction false} LadderShorter(fails: Fails, tape: seq<nat>, min: nat, len: nat, from: seq<nat>,
                                         rungs: seq<seq<nat>>, end: seq<nat>, few: seq<nat>)
    requires Ladder(fails, tape, min, len, from, rungs, end) && Within(few, end)
    ensures Ladder(fails, tape, min, len, from, rungs, few)
    decreases |rungs|
  {
    if rungs != [] { LadderShorter(fails, tape, min, len / 2, rungs[0], rungs[1..], end, few); }
  }

  // While attempts last, half the tape and every halving of it down to the
  // minimum is reached, and left only when no aligned chunk of it can go.
  lemma ChunksRunOut(fails: Fails, tape: seq<nat>, cfg: ShrinkConfig) returns (rungs: seq<seq<nat>>)
    requires fails(tape) && ShrinkSpec(fails, tape, cfg).attempts < cfg.maxAttempts
    ensures Ladder(fails, tape, cfg.minChunkLen, |tape| / 2, Range(|tape|), rungs,
                   ShrinkSpec(fails, tape, cfg).keptIndices)
  {
    ShrinkIsSweeps(fails, tape, cfg);
    var all := Range(|tape|);
    assert ReadAt(tape, all) == tape;
    AscendingIs(all);
    var (kept, budget) := Descend(fails, tape, cfg.minChunkLen, |tape| / 2, all, Budget(cfg));
    rungs := DescendClimbs(fails, tape, cfg.minChunkLen, |tape| / 2, all, Budget(cfg));
    SweepLeaves(fails, tape, kept, Blocks(kept, 1), budget);
    LadderShorter(fails, tape, cfg.minChunkLen, |tape| / 2, all, rungs, kept, ShrinkSpec(fails, tape, cfg).keptIndices);
  }

  // ----- what the chunks cost -----

  lemma {:induction false} DescendCost(fails: Fails, tape: seq<nat>, min: nat, len: nat, kept: seq<nat>, budget: nat,
                                       n: nat)
    requires InRange(kept, |tape|) && min > 0 && |kept| <= n
    ensures var r := Descend(fails, tape, min, len, kept, budget);
            budget - r.1 <= (|kept| + len) * n && |r.0| <= |kept|
    decreases budget, len
  {
    if len >= min && budget > 0 {
      var blocks := Blocks(kept, len);
      var kept' := Sweep(fails, tape, kept, blocks, budget);
      SweepLeaves(fails, tape, kept, blocks, budget);
      var len' := if |kept'| < |kept| then len else len / 2;
      DescendCost(fails, tape, min, len', kept', budget - Min(|blocks|, budget), n);
      OneLess(|kept'| + len', |kept| + len, n);
    }
  }

  lemma OneLess(a: nat, b: nat, n: nat)
    requires a < b
    ensures a * n + n <= b * n
  {
    assert (a + 1) * n <= b * n;
  }

  // So a budget above this always lets the ladder be climbed down to its end.
  lemma AttemptsAtMost(fails: Fails, tape: seq<nat>, cfg: ShrinkConfig)
    requires fails(tape) && cfg.minChunkLen > 0
    ensures ShrinkSpec(fails, tape, cfg).attempts <= 1 + (|tape| + |tape| / 2) * |tape| + |tape|
  {
    ShrinkIsSweeps(fails, tape, cfg);
    DescendCost(fails, tape, cfg.minChunkLen, |tape| / 2, Range(|tape|), Budget(cfg), |tape|);
  }

  // ----- the first half -----

  lemma {:induction false} DescendShorter(fails: Fails, tape: seq<nat>, min: nat, len: nat, kept: seq<nat>, budget: nat)
    requires InRange(kept, |tape|)
    ensures |Descend(fails, tape, min, len, kept, budget).0| <= |kept|
    decreases budget, len
  {
    if len >= min && budget > 0 && len > 0 {
      var blocks := Blocks(kept, len);
      var kept' := Sweep(fails, tape, kept, blocks, budget);
      SweepLeaves(fails, tape, kept, blocks, budget);
      DescendShorter(fails, tape, min, if |kept'| < |kept| then len else len / 2, kept',
                     budget - Min(|blocks|, budget));
    }
  }

  // A failure that does not need the first half of its tape loses it, whatever
  // the budget beyond a second attempt.
  lemma FirstHalfGoes(fails: Fails, tape: seq<nat>, cfg: ShrinkConfig)
    requires fails(tape) && fails(tape[|tape| / 2..])
    requires |tape| / 2 >= Max(1, cfg.minChunkLen) && cfg.maxAttempts > 1
    ensures |ShrinkSpec(fails, tape, cfg).minimized| <= |tape| - |tape| / 2
  {
    var len, all, budget := |tape| / 2, Range(|tape|), Budget(cfg);
    FirstBlockGoes(fails, tape, len, budget);
    DescendAfter(fails, tape, cfg.minChunkLen, len, all, budget);
    ShrinkIsSweeps(fails, tape, cfg);
    var (kept, left) := Descend(fails, tape, cfg.minChunkLen, len, all, budget);
    SweepLeaves(fails, tape, kept, Blocks(kept, 1), left);
  }

  lemma DescendAfter(fails: Fails, tape: seq<nat>, min: nat, len: nat, kept: seq<nat>, budget: nat)
    requires InRange(kept, |tape|) && len >= min && len > 0 && budget > 0
    ensures |Descend(fails, tape, min, len, kept, budget).0|
            <= |Sweep(fails, tape, kept, Blocks(kept, len), budget)|
  {
    var kept' := Sweep(fails, tape, kept, Blocks(kept, len), budget);
    DescendOnce(fails, tape, min, len, kept, budget);
    DescendShorter(fails, tape, min, if |kept'| < |kept| then len else len / 2, kept',
                   budget - Min(|Blocks(kept, len)|, budget));
  }

  lemma FirstBlock(fails: Fails, tape: seq<nat>, kept: seq<nat>, block: seq<nat>, rest: seq<seq<nat>>, budget: nat)
    requires InRange(kept, |tape|) && budget > 0
    ensures |Sweep(fails, tape, kept, [block] + rest, budget)| <= |Kept(fails, tape, kept, block)|
  {
    assert ([block] + rest)[0] == block && ([block] + rest)[1..] == rest;
    SweepLeaves(fails, tape, Kept(fails, tape, kept, block), rest, budget - 1);
  }

  lemma FrontGoes(fails: Fails, tape: seq<nat>, w: Work, len: nat)
    requires Holds(tape, w) && 0 < len <= |w.current| && fails(w.current[len..])
    ensures |Kept(fails, tape, w.kept, w.kept[0..0 + len])| == |w.kept| - len
  {
    TrialIs(fails, tape, w, 0, len);
    assert Drop(w.current, 0, len) == w.current[len..];
  }

  lemma FirstBlockGoes(fails: Fails, tape: seq<nat>, len: nat, budget: nat)
    requires 0 < len <= |tape| && budget > 0 && fails(tape[len..])
    ensures |Sweep(fails, tape, Range(|tape|), Blocks(Range(|tape|), len), budget)| <= |tape| - len
  {
    var w, all := Start(tape), Range(|tape|);
    HoldsReads(tape, w);
    FrontGoes(fails, tape, w, len);
    FirstBlock(fails, tape, all, all[0..0 + len], Blocks(all[0 + len..], len), budget);
    BlocksStep(all, 0, len);
    assert all[0..] == all;
  }
}
