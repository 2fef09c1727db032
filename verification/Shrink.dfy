// Entropy-tape shrinking: chunk deletion followed by single-draw deletion, under
// one attempt budget. The failure predicate is a pure function of the tape.
module Shrink {
  import opened Base

  type Fails = seq<nat> -> bool

  datatype ShrinkConfig = ShrinkConfig(maxAttempts: nat, minChunkLen: nat)

  datatype ShrinkReport = ShrinkReport(originalLen: nat, minimized: seq<nat>, keptIndices: seq<nat>, attempts: nat,
                                       reproduced: bool, acceptedRemovals: nat)

  // The variables of the shrinking loops.
  datatype Work = Work(current: seq<nat>, kept: seq<nat>, attempts: nat, accepted: nat)

  // ----- the loops as functions -----

  function Drop<T>(s: seq<T>, k: nat, len: nat): seq<T>
    requires k + len <= |s|
  {
    s[..k] + s[k + len..]
  }

  function Without(w: Work, k: nat, len: nat): Work
    requires |w.kept| == |w.current| && k + len <= |w.current|
  {
    Work(Drop(w.current, k, len), Drop(w.kept, k, len), w.attempts + 1, w.accepted + 1)
  }

  function Rejected(w: Work): Work {
    w.(attempts := w.attempts + 1)
  }

  function ChunkRound(fails: Fails, max: nat, len: nat, w: Work, k: nat, any: bool): (r: (Work, bool))
    requires |w.kept| == |w.current|
    ensures |r.0.kept| == |r.0.current|
    ensures r.0.attempts >= w.attempts
    ensures k + len <= |w.current| && w.attempts < max ==> r.0.attempts > w.attempts
    ensures r.1 && !any ==> r.0.attempts > w.attempts
    decreases max - w.attempts
  {
    if k + len <= |w.current| && w.attempts < max then
      if fails(Drop(w.current, k, len)) then ChunkRound(fails, max, len, Without(w, k, len), k, true)
      else ChunkRound(fails, max, len, Rejected(w), k + len, any)
    else (w, any)
  }

  // Ends for every configuration: a round that accepts or retries a zero-length
  // chunk spends an attempt, and any other round halves the chunk.
  function ChunkLoop(fails: Fails, cfg: ShrinkConfig, len: nat, w: Work): (r: Work)
    requires |w.kept| == |w.current|
    ensures |r.kept| == |r.current|
    decreases cfg.maxAttempts - w.attempts, len
  {
    if len >= cfg.minChunkLen && w.attempts < cfg.maxAttempts then
      var (w', any) := ChunkRound(fails, cfg.maxAttempts, len, w, 0, false);
      ChunkLoop(fails, cfg, if any then len else len / 2, w')
    else w
  }

  function SinglePass(fails: Fails, max: nat, w: Work, k: nat): (r: Work)
    requires |w.kept| == |w.current|
    ensures |r.kept| == |r.current|
    decreases |w.current| - k
  {
    if k < |w.current| && w.attempts < max then
      if fails(RemoveAt(w.current, k)) then SinglePass(fails, max, Without(w, k, 1), k)
      else SinglePass(fails, max, Rejected(w), k + 1)
    else w
  }

  function Start(tape: seq<nat>): Work {
    Work(tape, Range(|tape|), 1, 0)
  }

  function Shrunk(fails: Fails, tape: seq<nat>, cfg: ShrinkConfig): (w: Work) {
    SinglePass(fails, cfg.maxAttempts, ChunkLoop(fails, cfg, |tape| / 2, Start(tape)), 0)
  }

  function Unreproduced(tape: seq<nat>): ShrinkReport {
    ShrinkReport(|tape|, tape, Range(|tape|), 1, false, 0)
  }

  function Report(tape: seq<nat>, w: Work): ShrinkReport {
    ShrinkReport(|tape|, w.current, w.kept, w.attempts, true, w.accepted)
  }

  function ShrinkSpec(fails: Fails, tape: seq<nat>, cfg: ShrinkConfig): ShrinkReport {
    if fails(tape) then Report(tape, Shrunk(fails, tape, cfg)) else Unreproduced(tape)
  }

  // ----- the loops in place -----

  method ShrinkTape(tape: seq<nat>, fails: Fails, cfg: ShrinkConfig) returns (report: ShrinkReport)
    ensures report == ShrinkSpec(fails, tape, cfg)
  {
    if !fails(tape) {
      return ShrinkReport(|tape|, tape, Range(|tape|), 1, false, 0);
    }
    var attempts, accepted := 1, 0;
    var kept, current := Range(|tape|), tape;
    var len: nat := |current| / 2;
    ghost var goal := ChunkLoop(fails, cfg, len, Work(current, kept, attempts, accepted));
    while len >= cfg.minChunkLen && attempts < cfg.maxAttempts
      invariant |kept| == |current|
      invariant ChunkLoop(fails, cfg, len, Work(current, kept, attempts, accepted)) == goal
      decreases cfg.maxAttempts - attempts, len
    {
      ghost var before := attempts;
      ghost var round := ChunkRound(fails, cfg.maxAttempts, len, Work(current, kept, attempts, accepted), 0, false);
      var k: nat := 0;
      var any := false;
      while k + len <= |current| && attempts < cfg.maxAttempts
        invariant |kept| == |current|
        invariant ChunkRound(fails, cfg.maxAttempts, len, Work(current, kept, attempts, accepted), k, any) == round
        decreases cfg.maxAttempts - attempts
      {
        var candidate := current[..k] + current[k + len..];
        attempts := attempts + 1;
        if fails(candidate) {
          current := candidate;
          kept := kept[..k] + kept[k + len..];
          accepted := accepted + 1;
          any := true;
        } else {
          k := k + len;
        }
      }
      assert round == (Work(current, kept, attempts, accepted), any);
      if !any {
        len := len / 2;
      }
    }
    ghost var done := SinglePass(fails, cfg.maxAttempts, Work(current, kept, attempts, accepted), 0);
    var k: nat := 0;
    while k < |current| && attempts < cfg.maxAttempts
      invariant |kept| == |current|
      invariant SinglePass(fails, cfg.maxAttempts, Work(current, kept, attempts, accepted), k) == done
      decreases |current| - k
    {
      var candidate := RemoveAt(current, k);
      attempts := attempts + 1;
      if fails(candidate) {
        current := candidate;
        kept := RemoveAt(kept, k);
        accepted := accepted + 1;
      } else {
        k := k + 1;
      }
    }
    report := ShrinkReport(|tape|, current, kept, attempts, true, accepted);
  }

  // ----- soundness and accounting -----

  // `current` is the tape read at the strictly increasing indices `kept`.
  ghost predicate Reads(tape: seq<nat>, w: Work) {
    && |w.kept| == |w.current|
    && StrictlyIncreasing(w.kept)
    && forall k :: 0 <= k < |w.kept| ==> w.kept[k] < |tape| && w.current[k] == tape[w.kept[k]]
  }

  ghost predicate Sound(fails: Fails, tape: seq<nat>, max: nat, w: Work) {
    Reads(tape, w) && fails(w.current) && 1 <= w.attempts <= Max(1, max) && w.accepted < w.attempts
  }

  lemma DropReads(tape: seq<nat>, w: Work, k: nat, len: nat)
    requires Reads(tape, w) && k + len <= |w.current|
    ensures Reads(tape, Without(w, k, len))
  {
  }

  lemma {:induction false} RoundSound(fails: Fails, tape: seq<nat>, max: nat, len: nat, w: Work, k: nat, any: bool)
    requires Sound(fails, tape, max, w)
    ensures Sound(fails, tape, max, ChunkRound(fails, max, len, w, k, any).0)
    decreases max - w.attempts
  {
    if k + len <= |w.current| && w.attempts < max {
      if fails(Drop(w.current, k, len)) {
        DropReads(tape, w, k, len);
        RoundSound(fails, tape, max, len, Without(w, k, len), k, true);
      } else {
        RoundSound(fails, tape, max, len, Rejected(w), k + len, any);
      }
    }
  }

  lemma {:induction false} LoopSound(fails: Fails, tape: seq<nat>, cfg: ShrinkConfig, len: nat, w: Work)
    requires Sound(fails, tape, cfg.maxAttempts, w)
    ensures Sound(fails, tape, cfg.maxAttempts, ChunkLoop(fails, cfg, len, w))
    decreases cfg.maxAttempts - w.attempts, len
  {
    if len >= cfg.minChunkLen && w.attempts < cfg.maxAttempts {
      var (w', any) := ChunkRound(fails, cfg.maxAttempts, len, w, 0, false);
      RoundSound(fails, tape, cfg.maxAttempts, len, w, 0, false);
      LoopSound(fails, tape, cfg, if any then len else len / 2, w');
    }
  }

  lemma {:induction false} PassSound(fails: Fails, tape: seq<nat>, max: nat, w: Work, k: nat)
    requires Sound(fails, tape, max, w)
    ensures Sound(fails, tape, max, SinglePass(fails, max, w, k))
    decreases |w.current| - k
  {
    if k < |w.current| && w.attempts < max {
      if fails(RemoveAt(w.current, k)) {
        assert RemoveAt(w.current, k) == Drop(w.current, k, 1);
        DropReads(tape, w, k, 1);
        PassSound(fails, tape, max, Without(w, k, 1), k);
      } else {
        PassSound(fails, tape, max, Rejected(w), k + 1);
      }
    }
  }

  // The minimized tape still fails, is the original read at the kept indices,
  // and costs at most the attempt budget.
  lemma ShrinkSound(fails: Fails, tape: seq<nat>, cfg: ShrinkConfig)
    ensures var r := ShrinkSpec(fails, tape, cfg);
            && r.reproduced == fails(tape)
            && fails(r.minimized) == fails(tape)
            && r.originalLen == |tape|
            && Reads(tape, Work(r.minimized, r.keptIndices, r.attempts, r.acceptedRemovals))
            && 1 <= r.attempts <= Max(1, cfg.maxAttempts)
            && (!r.reproduced ==> r.minimized == tape)
  {
    if fails(tape) {
      LoopSound(fails, tape, cfg, |tape| / 2, Start(tape));
      PassSound(fails, tape, cfg.maxAttempts, ChunkLoop(fails, cfg, |tape| / 2, Start(tape)), 0);
    }
  }

  // ----- minimality -----

  // No single draw can be deleted.
  ghost predicate OneMinimal(fails: Fails, tape: seq<nat>) {
    forall k: nat :: k < |tape| ==> !fails(RemoveAt(tape, k))
  }

  // Failing survives putting a draw back.
  ghost predicate Monotone(fails: Fails) {
    forall tape: seq<nat>, k: nat :: k < |tape| && fails(RemoveAt(tape, k)) ==> fails(tape)
  }

  ghost predicate RefusedBelow(fails: Fails, current: seq<nat>, k: nat) {
    forall j: nat :: j < k && j < |current| ==> !fails(RemoveAt(current, j))
  }

  // A single-draw round that accepts nothing and does not run out of attempts
  // has refused every deletion.
  lemma {:induction false} QuietRound(fails: Fails, max: nat, w: Work, k: nat)
    requires |w.kept| == |w.current| && RefusedBelow(fails, w.current, k)
    ensures var r := ChunkRound(fails, max, 1, w, k, false);
            !r.1 ==> r.0.current == w.current && (r.0.attempts < max ==> OneMinimal(fails, w.current))
    decreases max - w.attempts
  {
    if k + 1 <= |w.current| && w.attempts < max {
      assert RemoveAt(w.current, k) == Drop(w.current, k, 1);
      if fails(Drop(w.current, k, 1)) {
        AcceptedStaysAccepted(fails, max, 1, Without(w, k, 1), k);
      } else {
        QuietRound(fails, max, Rejected(w), k + 1);
      }
    }
  }

  lemma {:induction false} AcceptedStaysAccepted(fails: Fails, max: nat, len: nat, w: Work, k: nat)
    requires |w.kept| == |w.current|
    ensures ChunkRound(fails, max, len, w, k, true).1
    decreases max - w.attempts
  {
    if k + len <= |w.current| && w.attempts < max {
      if fails(Drop(w.current, k, len)) {
        AcceptedStaysAccepted(fails, max, len, Without(w, k, len), k);
      } else {
        AcceptedStaysAccepted(fails, max, len, Rejected(w), k + len);
      }
    }
  }

  // With single-draw chunks allowed, the chunk loop itself ends 1-minimal.
  lemma {:induction false} LoopMinimal(fails: Fails, cfg: ShrinkConfig, len: nat, w: Work)
    requires |w.kept| == |w.current| && cfg.minChunkLen <= 1
    requires len > 0
    ensures var r := ChunkLoop(fails, cfg, len, w);
            r.attempts < cfg.maxAttempts ==> OneMinimal(fails, r.current)
    decreases cfg.maxAttempts - w.attempts, len
  {
    if w.attempts < cfg.maxAttempts {
      var (w', any) := ChunkRound(fails, cfg.maxAttempts, len, w, 0, false);
      if len == 1 && !any {
        QuietRound(fails, cfg.maxAttempts, w, 0);
        if cfg.minChunkLen == 0 {
          ZeroChunkSpendsBudget(fails, cfg, 0, w');
        }
      } else {
        LoopMinimal(fails, cfg, if any then len else len / 2, w');
      }
    }
  }

  // A zero minimum never leaves the chunk loop before the budget is gone.
  lemma {:induction false} ZeroChunkSpendsBudget(fails: Fails, cfg: ShrinkConfig, len: nat, w: Work)
    requires |w.kept| == |w.current| && cfg.minChunkLen == 0
    ensures ChunkLoop(fails, cfg, len, w).attempts >= cfg.maxAttempts
    decreases cfg.maxAttempts - w.attempts, len
  {
    if w.attempts < cfg.maxAttempts {
      var (w', any) := ChunkRound(fails, cfg.maxAttempts, len, w, 0, false);
      ZeroChunkSpendsBudget(fails, cfg, if any then len else len / 2, w');
    }
  }

  // Once nothing can be deleted, the single-draw pass changes nothing.
  lemma {:induction false} PassKeepsMinimal(fails: Fails, max: nat, w: Work, k: nat)
    requires |w.kept| == |w.current| && OneMinimal(fails, w.current)
    ensures SinglePass(fails, max, w, k).current == w.current
    decreases |w.current| - k
  {
    if k < |w.current| && w.attempts < max {
      PassKeepsMinimal(fails, max, Rejected(w), k + 1);
    }
  }

  lemma {:induction false} PassAttempts(fails: Fails, max: nat, w: Work, k: nat)
    requires |w.kept| == |w.current|
    ensures SinglePass(fails, max, w, k).attempts >= w.attempts
    decreases |w.current| - k
  {
    if k < |w.current| && w.attempts < max {
      if fails(RemoveAt(w.current, k)) { PassAttempts(fails, max, Without(w, k, 1), k); }
      else { PassAttempts(fails, max, Rejected(w), k + 1); }
    }
  }

  // Deleting another draw cannot make a refused deletion acceptable, when
  // failing survives putting draws back.
  lemma RefusalSurvives(fails: Fails, tape: seq<nat>, j: nat, k: nat)
    requires Monotone(fails) && j < |tape| && k < |tape| && j != k
    requires !fails(RemoveAt(tape, j))
    ensures !fails(RemoveAt(RemoveAt(tape, k), if j < k then j else j - 1))
  {
    if j < k {
      assert RemoveAt(RemoveAt(tape, k), j) == RemoveAt(RemoveAt(tape, j), k - 1);
    } else {
      assert RemoveAt(RemoveAt(tape, k), j - 1) == tape[..k] + tape[k+1..j] + tape[j+1..];
      assert RemoveAt(RemoveAt(tape, j), k) == tape[..k] + tape[k+1..j] + tape[j+1..];
    }
  }

  lemma {:induction false} PassMinimal(fails: Fails, max: nat, w: Work, k: nat)
    requires |w.kept| == |w.current| && Monotone(fails) && RefusedBelow(fails, w.current, k)
    ensures var r := SinglePass(fails, max, w, k);
            r.attempts < max ==> OneMinimal(fails, r.current)
    decreases |w.current| - k
  {
    if k < |w.current| && w.attempts < max {
      if fails(RemoveAt(w.current, k)) {
        var w' := Without(w, k, 1);
        assert w'.current == RemoveAt(w.current, k);
        forall j: nat | j < k && j < |w'.current| ensures !fails(RemoveAt(w'.current, j)) {
          RefusalSurvives(fails, w.current, j, k);
        }
        PassMinimal(fails, max, w', k);
      } else {
        PassMinimal(fails, max, Rejected(w), k + 1);
      }
    }
  }

  // A lone draw left by the chunk loop is settled by the single-draw pass.
  lemma ShortTapeMinimal(fails: Fails, max: nat, w: Work)
    requires |w.kept| == |w.current| <= 1
    ensures var r := SinglePass(fails, max, w, 0);
            r.attempts < max ==> OneMinimal(fails, r.current)
  {
  }

  // With budget to spare, single-draw chunks guarantee 1-minimality for every
  // predicate; larger chunks guarantee it for every monotone one.
  lemma ShrinkMinimal(fails: Fails, tape: seq<nat>, cfg: ShrinkConfig)
    requires fails(tape)
    requires ShrinkSpec(fails, tape, cfg).attempts < cfg.maxAttempts
    requires cfg.minChunkLen <= 1 || Monotone(fails)
    ensures OneMinimal(fails, ShrinkSpec(fails, tape, cfg).minimized)
  {
    var chunked := ChunkLoop(fails, cfg, |tape| / 2, Start(tape));
    PassAttempts(fails, cfg.maxAttempts, chunked, 0);
    if Monotone(fails) {
      PassMinimal(fails, cfg.maxAttempts, chunked, 0);
    } else if |tape| >= 2 {
      LoopMinimal(fails, cfg, |tape| / 2, Start(tape));
      PassKeepsMinimal(fails, cfg.maxAttempts, chunked, 0);
    } else if cfg.minChunkLen == 0 {
      ZeroChunkSpendsBudget(fails, cfg, 0, Start(tape));
    } else {
      ShortTapeMinimal(fails, cfg.maxAttempts, chunked);
    }
  }

  predicate Stubborn(tape: seq<nat>) {
    tape in {[1, 2], [1], []}
  }

  // A non-monotone failure that larger chunks leave reducible.
  lemma LargerChunksMissADeletion(cfg: ShrinkConfig)
    requires cfg.minChunkLen >= 2 && cfg.maxAttempts > 3
    ensures var r := ShrinkSpec(Stubborn, [1, 2], cfg);
            r.reproduced && r.attempts == 3 && r.minimized == [1] && !OneMinimal(Stubborn, r.minimized)
  {
    var max := cfg.maxAttempts;
    var w0 := Start([1, 2]);
    assert ChunkLoop(Stubborn, cfg, 1, w0) == w0;
    assert RemoveAt([1, 2], 0) == [2] && RemoveAt([1, 2], 1) == [1];
    var w1 := Rejected(w0);
    assert SinglePass(Stubborn, max, w0, 0) == SinglePass(Stubborn, max, w1, 1);
    var w2 := Without(w1, 1, 1);
    assert w2.current == [1];
    assert SinglePass(Stubborn, max, w1, 1) == SinglePass(Stubborn, max, w2, 1) == w2;
    var fails: Fails := Stubborn;
    var rest: seq<nat> := [1];
    assert RemoveAt(rest, 0) == [] && fails(RemoveAt(rest, 0));
    assert !OneMinimal(fails, rest);
  }

  // The single-draw pass spends an attempt on every draw or removes one.
  lemma {:induction false} PassCost(fails: Fails, max: nat, w: Work, k: nat)
    requires |w.kept| == |w.current| && k <= |w.current|
    ensures SinglePass(fails, max, w, k).attempts >= Min(max, w.attempts + |w.current| - k)
    decreases |w.current| - k
  {
    if k < |w.current| && w.attempts < max {
      if fails(RemoveAt(w.current, k)) { PassCost(fails, max, Without(w, k, 1), k); }
      else { PassCost(fails, max, Rejected(w), k + 1); }
    }
  }

  lemma {:induction false} LoopAttempts(fails: Fails, cfg: ShrinkConfig, len: nat, w: Work)
    requires |w.kept| == |w.current|
    ensures ChunkLoop(fails, cfg, len, w).attempts >= w.attempts
    decreases cfg.maxAttempts - w.attempts, len
  {
    if len >= cfg.minChunkLen && w.attempts < cfg.maxAttempts {
      var (w', any) := ChunkRound(fails, cfg.maxAttempts, len, w, 0, false);
      LoopAttempts(fails, cfg, if any then len else len / 2, w');
    }
  }

  // Two chunks that fit cost two attempts, accepted or not.
  lemma RoundOfTwo(fails: Fails, max: nat, len: nat, w: Work)
    requires |w.kept| == |w.current| && 2 * len <= |w.current| && w.attempts + 2 >= max
    ensures ChunkRound(fails, max, len, w, 0, false).0.attempts >= max
  {
    if w.attempts < max {
      var w' := if fails(Drop(w.current, 0, len)) then Without(w, 0, len) else Rejected(w);
      var k := if fails(Drop(w.current, 0, len)) then 0 else len;
      assert k + len <= |w'.current|;
      assert w'.attempts < max ==> ChunkRound(fails, max, len, w', k, true).0.attempts > w'.attempts;
    }
  }

  // Up to three attempts are always spent on a tape of two draws or more.
  lemma SmallBudgetIsSpent(fails: Fails, tape: seq<nat>, cfg: ShrinkConfig)
    requires fails(tape) && |tape| >= 2 && cfg.maxAttempts <= 3
    ensures ShrinkSpec(fails, tape, cfg).attempts >= cfg.maxAttempts
  {
    var w, len, max := Start(tape), |tape| / 2, cfg.maxAttempts;
    var chunked := ChunkLoop(fails, cfg, len, w);
    if len >= cfg.minChunkLen && w.attempts < max {
      var (w', any) := ChunkRound(fails, max, len, w, 0, false);
      RoundOfTwo(fails, max, len, w);
      LoopAttempts(fails, cfg, if any then len else len / 2, w');
      PassAttempts(fails, max, chunked, 0);
    } else {
      PassCost(fails, max, chunked, 0);
    }
  }

  lemma LoneDrawMinimal(fails: Fails, tape: seq<nat>, cfg: ShrinkConfig)
    requires fails(tape) && |tape| <= 1 && cfg.minChunkLen > 0
    ensures ShrinkSpec(fails, tape, cfg).attempts < cfg.maxAttempts ==>
              OneMinimal(fails, ShrinkSpec(fails, tape, cfg).minimized)
  {
    ShortTapeMinimal(fails, cfg.maxAttempts, ChunkLoop(fails, cfg, |tape| / 2, Start(tape)));
  }

  // Every failing tape is shrunk to a 1-minimal one whenever attempts are left.
  ghost predicate GuaranteesMinimality(cfg: ShrinkConfig) {
    forall fails: Fails, tape: seq<nat> ::
      fails(tape) && ShrinkSpec(fails, tape, cfg).attempts < cfg.maxAttempts
      ==> OneMinimal(fails, ShrinkSpec(fails, tape, cfg).minimized)
  }

  // For arbitrary predicates the guarantee holds exactly for single-draw chunks,
  // or for budgets too small to leave an attempt over where it would matter.
  lemma MinimalityGuaranteedIff(cfg: ShrinkConfig)
    ensures GuaranteesMinimality(cfg) <==> cfg.minChunkLen <= 1 || cfg.maxAttempts <= 3
  {
    if cfg.minChunkLen <= 1 || cfg.maxAttempts <= 3 {
      forall fails: Fails, tape: seq<nat> |
        fails(tape) && ShrinkSpec(fails, tape, cfg).attempts < cfg.maxAttempts
        ensures OneMinimal(fails, ShrinkSpec(fails, tape, cfg).minimized)
      {
        if cfg.minChunkLen <= 1 {
          ShrinkMinimal(fails, tape, cfg);
        } else if |tape| <= 1 {
          LoneDrawMinimal(fails, tape, cfg);
        } else {
          SmallBudgetIsSpent(fails, tape, cfg);
        }
      }
    } else {
      LargerChunksMissADeletion(cfg);
      assert Stubborn([1, 2]);
    }
  }

  // With a zero minimum a reproduced failure always spends its whole budget.
  lemma ZeroMinimumSpendsBudget(fails: Fails, tape: seq<nat>, cfg: ShrinkConfig)
    requires fails(tape) && cfg.minChunkLen == 0
    ensures ShrinkSpec(fails, tape, cfg).attempts == Max(1, cfg.maxAttempts)
  {
    ZeroChunkSpendsBudget(fails, cfg, |tape| / 2, Start(tape));
    PassAttempts(fails, cfg.maxAttempts, ChunkLoop(fails, cfg, |tape| / 2, Start(tape)), 0);
    ShrinkSound(fails, tape, cfg);
  }
}
